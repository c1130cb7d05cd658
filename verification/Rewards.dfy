/**
 The external-validators-rewards pallet as a state machine: points per era, the queue of
 eras whose message failed, and the history of mints, sends and losses.
 */
module Rewards {
  import opened Common
  import opened RetryQueue
  import opened Points

  /** What a queued era keeps besides its index: start timestamp and minted rewards. */
  datatype Pending = Pending(timestamp: nat, inflation: nat)

  datatype Message = Message(era: nat, timestamp: nat, totalPoints: nat, individual: Table, inflation: nat)

  /** History. An attempt is one call of the message sender; `retry` tells a queue
      retry from the first attempt at era end. */
  datatype Event =
    | Awarded(era: nat, rows: seq<Row>)
    | Minted(era: nat, amount: nat)
    | Attempt(message: Message, retry: bool, sent: bool)
    | ExpiredEra(era: nat, amount: nat)
    | Dropped(era: nat, amount: nat)

  datatype State = State(
    points: map<nat, EraPoints>,
    authored: Table,
    blocks: map<nat, nat>,
    queue: Queue<Pending>,
    log: seq<Event>)

  const GENESIS := State(map[], [], map[], [], [])

  function PointsOf(s: State, era: nat): (p: EraPoints) {
    if era in s.points then s.points[era] else NO_POINTS
  }

  /** `generate_era_rewards_info`: no message when nobody has points. */
  function Build(p: EraPoints, era: nat, body: Pending): (m: Option<Message>) {
    var total := Sum(p.individual);
    if total == 0 then None else Some(Message(era, body.timestamp, total, p.individual, body.inflation))
  }

  function Rebuild(s: State, e: Entry<Pending>): (m: Option<Message>) {
    Build(PointsOf(s, e.era), e.era, e.body)
  }

  // ---- Calls ----

  function NoteAuthor(s: State, active: nat, who: Account): (r: State) {
    var produced := if active in s.blocks then s.blocks[active] else 0;
    s.(authored := Accrue(s.authored, who, 1), blocks := s.blocks[active := SatAdd(produced, 1)])
  }

  function AwardSession(s: State, f: Formula, active: nat, validators: seq<Account>, exempt: seq<Account>): (r: State) {
    var awards := SessionAwards(f, s.authored, validators, exempt);
    if awards == [] then s.(authored := [])
    else
      s.(authored := [],
         points := s.points[active := AwardAll(PointsOf(s, active), awards)],
         log := s.log + [Awarded(active, awards)])
  }

  /** `process_unsent_reward_eras`: one attempt per block, on the head of the queue. */
  function ProcessUnsent(s: State, sent: bool): (r: State) {
    if s.queue == [] then s
    else
      var e := s.queue[0];
      match Rebuild(s, e)
      case None =>
        s.(queue := Step(s.queue, Block(true)), log := s.log + [ExpiredEra(e.era, e.body.inflation)])
      case Some(m) =>
        s.(queue := Step(s.queue, Block(sent)), log := s.log + [Attempt(m, true, sent)])
  }

  datatype RetryResult = Ok | EraNotInUnsentQueue | RewardPointsPruned | MessageSendFailed

  function RetryUnsent(s: State, era: nat, sent: bool): (r: (State, RetryResult)) {
    match IndexOfEra(s.queue, era)
    case None => (s, EraNotInUnsentQueue)
    case Some(i) =>
      match Rebuild(s, s.queue[i])
      case None => (s, RewardPointsPruned)
      case Some(m) =>
        (s.(queue := Step(s.queue, Retry(era, sent)), log := s.log + [Attempt(m, true, sent)]),
         if sent then Ok else MessageSendFailed)
  }

  function ExpiredEvents(q: Queue<Pending>): (r: seq<Event>)
    ensures |r| == |q|
  {
    seq(|q|, i requires 0 <= i < |q| => ExpiredEra(q[i].era, q[i].body.inflation))
  }

  function OnEraStart(s: State, depth: nat, era: nat): (r: State) {
    if era < depth then s
    else
      var gone := era - depth;
      s.(points := s.points - {gone},
         blocks := s.blocks - {gone},
         queue := Step(s.queue, Prune(gone)),
         log := s.log + ExpiredEvents(Expired(s.queue, gone)))
  }

  /** `mint` is what the inflation handler gives: the rewards share, or a failure. */
  function OnEraEnd(s: State, era: nat, timestamp: nat, mint: Option<nat>, sent: bool): (r: State) {
    if Sum(PointsOf(s, era).individual) == 0 || mint.None? then s
    else
      var body := Pending(timestamp, mint.value);
      var m := Build(PointsOf(s, era), era, body);
      assert m.Some?;
      var log := s.log + [Minted(era, mint.value), Attempt(m.value, false, sent)];
      if sent then s.(log := log)
      else if |s.queue| < MAX_ENTRIES then s.(queue := s.queue + [Entry(era, body)], log := log)
      else s.(log := log + [Dropped(era, mint.value)])
  }

  datatype Call =
    | Author(active: nat, who: Account)
    | EndSession(formula: Formula, active: nat, validators: seq<Account>, exempt: seq<Account>)
    | BlockStart(sent: bool)
    | ManualRetry(era: nat, sent: bool)
    | EraStarts(depth: nat, era: nat)
    | EraEnds(era: nat, timestamp: nat, mint: Option<nat>, sent: bool)

  function Apply(s: State, c: Call): (r: State) {
    match c
    case Author(active, who) => NoteAuthor(s, active, who)
    case EndSession(f, active, validators, exempt) => AwardSession(s, f, active, validators, exempt)
    case BlockStart(sent) => ProcessUnsent(s, sent)
    case ManualRetry(era, sent) => RetryUnsent(s, era, sent).0
    case EraStarts(depth, era) => OnEraStart(s, depth, era)
    case EraEnds(era, timestamp, mint, sent) => OnEraEnd(s, era, timestamp, mint, sent)
  }

  function ApplyAll(s: State, calls: seq<Call>): (r: State)
    decreases |calls|
  {
    if calls == [] then s else ApplyAll(Apply(s, calls[0]), calls[1..])
  }

  // ---- The reward ledger ----

  datatype Ledger = Mints | Sends | Retries | Expiries | Drops

  function Amount(ev: Event, a: Ledger): (n: nat) {
    match (a, ev)
    case (Mints, Minted(_, n)) => n
    case (Sends, Attempt(m, false, true)) => m.inflation
    case (Retries, Attempt(m, true, true)) => m.inflation
    case (Expiries, ExpiredEra(_, n)) => n
    case (Drops, Dropped(_, n)) => n
    case _ => 0
  }

  function Total(log: seq<Event>, a: Ledger): (n: nat) {
    if log == [] then 0 else Total(log[..|log| - 1], a) + Amount(log[|log| - 1], a)
  }

  function Queued(q: Queue<Pending>): (n: nat) {
    if q == [] then 0 else q[0].body.inflation + Queued(q[1..])
  }

  /** Every reward amount ever minted was sent, retried, expired or dropped, or is queued. */
  ghost predicate Balanced(s: State) {
    Total(s.log, Mints) ==
    Total(s.log, Sends) + Total(s.log, Retries) + Queued(s.queue) + Total(s.log, Expiries) + Total(s.log, Drops)
  }

  /** The same ledger as one running balance: mints flow in, everything else flows out. */
  function Flow(ev: Event): (n: int) {
    match ev
    case Awarded(_, _) => 0
    case Minted(_, n) => n
    case Attempt(m, _, sent) => if sent then 0 - m.inflation else 0
    case ExpiredEra(_, n) => 0 - n
    case Dropped(_, n) => 0 - n
  }

  function Net(log: seq<Event>): (n: int) {
    if log == [] then 0 else Net(log[..|log| - 1]) + Flow(log[|log| - 1])
  }

  lemma {:induction false} NetIsLedger(log: seq<Event>)
    ensures Net(log) == Total(log, Mints) - Total(log, Sends) - Total(log, Retries)
      - Total(log, Expiries) - Total(log, Drops)
  {
    if log != [] {
      NetIsLedger(log[..|log| - 1]);
    }
  }

  lemma NetAppend(log: seq<Event>, ev: Event)
    ensures Net(log + [ev]) == Net(log) + Flow(ev)
  {
  }

  lemma {:induction false} QueuedAppend(q: Queue<Pending>, e: Entry<Pending>)
    ensures Queued(q + [e]) == Queued(q) + e.body.inflation
  {
    if q != [] {
      QueuedAppend(q[1..], e);
      assert (q + [e])[1..] == q[1..] + [e];
    }
  }

  lemma {:induction false} QueuedRemove(q: Queue<Pending>, i: nat)
    requires i < |q|
    ensures Queued(q) == Queued(RemovedAt(q, i)) + q[i].body.inflation
  {
    if i == 0 {
      assert RemovedAt(q, 0) == q[1..];
    } else {
      QueuedRemove(q[1..], i - 1);
      assert RemovedAt(q, i)[1..] == RemovedAt(q[1..], i - 1);
    }
  }

  lemma {:induction false} QueuedPrune(q: Queue<Pending>, n: nat, limit: nat)
    requires n <= |q|
    ensures Queued(q[..n]) == Queued(KeptOf(q, n, limit)) + Queued(ExpiredOf(q, n, limit))
  {
    if n > 0 {
      QueuedPrune(q, n - 1, limit);
      assert q[..n] == q[..n - 1] + [q[n - 1]];
      QueuedAppend(q[..n - 1], q[n - 1]);
      QueuedAppend(KeptOf(q, n - 1, limit), q[n - 1]);
      QueuedAppend(ExpiredOf(q, n - 1, limit), q[n - 1]);
      assert KeptOf(q, n - 1, limit) + [] == KeptOf(q, n - 1, limit);
      assert ExpiredOf(q, n - 1, limit) + [] == ExpiredOf(q, n - 1, limit);
    }
  }

  lemma QueuedSplits(q: Queue<Pending>, limit: nat)
    ensures Queued(q) == Queued(Kept(q, limit)) + Queued(Expired(q, limit))
  {
    QueuedPrune(q, |q|, limit);
    assert q[..|q|] == q;
  }

  lemma {:induction false} NetOfExpiries(log: seq<Event>, q: Queue<Pending>)
    ensures Net(log + ExpiredEvents(q)) == Net(log) - Queued(q)
    decreases |q|
  {
    if q == [] {
      assert log + ExpiredEvents(q) == log;
    } else {
      var first := ExpiredEra(q[0].era, q[0].body.inflation);
      NetAppend(log, first);
      NetOfExpiries(log + [first], q[1..]);
      assert log + ExpiredEvents(q) == log + [first] + ExpiredEvents(q[1..]);
    }
  }

  lemma BlockKeepsNet(s: State, sent: bool)
    requires Net(s.log) == Queued(s.queue)
    ensures var r := ProcessUnsent(s, sent); Net(r.log) == Queued(r.queue)
  {
    if s.queue != [] {
      var e := s.queue[0];
      NetAppend(s.log, match Rebuild(s, e)
        case None => ExpiredEra(e.era, e.body.inflation)
        case Some(m) => Attempt(m, true, sent));
      QueuedAppend(s.queue[1..], e);
    }
  }

  lemma RetryKeepsNet(s: State, era: nat, sent: bool)
    requires Net(s.log) == Queued(s.queue)
    ensures var r := RetryUnsent(s, era, sent).0; Net(r.log) == Queued(r.queue)
  {
    var found := IndexOfEra(s.queue, era);
    if found.Some? {
      var m := Rebuild(s, s.queue[found.value]);
      if m.Some? {
        NetAppend(s.log, Attempt(m.value, true, sent));
        QueuedRemove(s.queue, found.value);
      }
    }
  }

  lemma NetOfPrune(log: seq<Event>, q: Queue<Pending>, limit: nat)
    requires Net(log) == Queued(q)
    ensures Net(log + ExpiredEvents(Expired(q, limit))) == Queued(Kept(q, limit))
  {
    QueuedSplits(q, limit);
    NetOfExpiries(log, Expired(q, limit));
  }

  lemma EraStartKeepsNet(s: State, depth: nat, era: nat)
    requires Net(s.log) == Queued(s.queue)
    ensures var r := OnEraStart(s, depth, era); Net(r.log) == Queued(r.queue)
  {
    if era >= depth {
      NetOfPrune(s.log, s.queue, era - depth);
    }
  }

  lemma NetAppendTwo(log: seq<Event>, a: Event, b: Event)
    ensures Net(log + [a, b]) == Net(log) + Flow(a) + Flow(b)
  {
    NetAppend(log, a);
    NetAppend(log + [a], b);
    assert log + [a, b] == log + [a] + [b];
  }

  lemma EraEndKeepsNet(s: State, era: nat, timestamp: nat, mint: Option<nat>, sent: bool)
    requires Net(s.log) == Queued(s.queue)
    ensures var r := OnEraEnd(s, era, timestamp, mint, sent); Net(r.log) == Queued(r.queue)
  {
    var p := PointsOf(s, era);
    if Sum(p.individual) != 0 && mint.Some? {
      var body := Pending(timestamp, mint.value);
      var minted, attempt := Minted(era, mint.value), Attempt(Build(p, era, body).value, false, sent);
      NetAppendTwo(s.log, minted, attempt);
      if !sent {
        NetAppend(s.log + [minted, attempt], Dropped(era, mint.value));
        QueuedAppend(s.queue, Entry(era, body));
      }
    }
  }

  lemma {:induction false} CallsKeepNet(s: State, calls: seq<Call>)
    requires Net(s.log) == Queued(s.queue)
    ensures var r := ApplyAll(s, calls); Net(r.log) == Queued(r.queue)
    decreases |calls|
  {
    if calls != [] {
      match calls[0] {
        case BlockStart(sent) => BlockKeepsNet(s, sent);
        case ManualRetry(era, sent) => RetryKeepsNet(s, era, sent);
        case EraStarts(depth, era) => EraStartKeepsNet(s, depth, era);
        case EraEnds(era, timestamp, mint, sent) => EraEndKeepsNet(s, era, timestamp, mint, sent);
        case _ =>
      }
      CallsKeepNet(Apply(s, calls[0]), calls[1..]);
    }
  }

  /** Conservation of rewards over every sequence of calls, in any order. */
  lemma LedgerBalances(s: State, calls: seq<Call>)
    requires Balanced(s)
    ensures Balanced(ApplyAll(s, calls))
  {
    NetIsLedger(s.log);
    CallsKeepNet(s, calls);
    NetIsLedger(ApplyAll(s, calls).log);
  }

  // ---- Bounded retry ----

  /** What a call does to the queue. */
  function QueueOp(s: State, c: Call): (op: Op<Pending>) {
    match c
    case BlockStart(sent) => Block(sent || (s.queue != [] && Rebuild(s, s.queue[0]).None?))
    case ManualRetry(era, sent) => Retry(era, RetryUnsent(s, era, sent).1.Ok?)
    case EraStarts(depth, era) => if era < depth then Idle else Prune(era - depth)
    case EraEnds(era, timestamp, mint, sent) =>
      if OnEraEnd(s, era, timestamp, mint, sent).queue == s.queue then Idle
      else Enqueue(Entry(era, Pending(timestamp, mint.value)))
    case _ => Idle
  }

  lemma CallIsQueueOp(s: State, c: Call)
    ensures Apply(s, c).queue == Step(s.queue, QueueOp(s, c))
    ensures QueueOp(s, c).Block? <==> c.BlockStart?
  {
  }

  function BlockStarts(calls: seq<Call>): (n: nat) {
    if calls == [] then 0 else (if calls[0].BlockStart? then 1 else 0) + BlockStarts(calls[1..])
  }

  /** The call adds one attempt for the era of `e` to the history, or finds it expired. */
  ghost predicate Attempts(s: State, c: Call, e: Entry<Pending>) {
    var log := Apply(s, c).log;
    && |log| == |s.log| + 1 && s.log < log
    && match log[|s.log|]
       case Attempt(m, retry, sent) => m.era == e.era && retry && c.BlockStart? && sent == c.sent
       case ExpiredEra(era, amount) => era == e.era && amount == e.body.inflation
       case _ => false
  }

  /** Some block of the run attempts `e`. */
  ghost predicate Tried(s: State, calls: seq<Call>, e: Entry<Pending>)
    decreases |calls|
  {
    calls != [] &&
    ((calls[0].BlockStart? && Attempts(s, calls[0], e)) || Tried(Apply(s, calls[0]), calls[1..], e))
  }

  ghost predicate NeverQueued(s: State, calls: seq<Call>, e: Entry<Pending>)
    decreases |calls|
  {
    calls != [] ==> QueueOp(s, calls[0]) != Enqueue(e) && NeverQueued(Apply(s, calls[0]), calls[1..], e)
  }

  lemma {:induction false} DoneStaysDone(s: State, calls: seq<Call>, e: Entry<Pending>)
    requires e !in s.queue && NeverQueued(s, calls, e)
    ensures e !in ApplyAll(s, calls).queue
    decreases |calls|
  {
    if calls != [] {
      CallIsQueueOp(s, calls[0]);
      StepKeepsGone(s.queue, QueueOp(s, calls[0]), e);
      DoneStaysDone(Apply(s, calls[0]), calls[1..], e);
    }
  }

  /** A queued era at distance `i` from the head is retried, or has left the queue, within
      `i + 1` blocks, whatever era changes and manual retries fall in between. */
  lemma {:induction false} RetriedWithinDistance(s: State, calls: seq<Call>, i: nat, e: Entry<Pending>)
    requires OnlyAt(s.queue, i, e) && NeverQueued(s, calls, e) && BlockStarts(calls) >= i + 1
    ensures Tried(s, calls, e) || e !in ApplyAll(s, calls).queue
    decreases |calls|
  {
    var r := Apply(s, calls[0]);
    CallIsQueueOp(s, calls[0]);
    if !(calls[0].BlockStart? && i == 0) {
      var j := StepMovesForward(s.queue, QueueOp(s, calls[0]), i, e);
      if e in r.queue {
        RetriedWithinDistance(r, calls[1..], j, e);
      } else {
        DoneStaysDone(r, calls[1..], e);
      }
    }
  }

  lemma {:induction false} CallsAppend(s: State, a: seq<Call>, b: seq<Call>)
    ensures ApplyAll(s, a + b) == ApplyAll(ApplyAll(s, a), b)
    ensures BlockStarts(a + b) == BlockStarts(a) + BlockStarts(b)
    decreases |a|
  {
    if a == [] {
      assert a + b == b;
    } else {
      assert (a + b)[0] == a[0] && (a + b)[1..] == a[1..] + b;
      CallsAppend(Apply(s, a[0]), a[1..], b);
    }
  }

  lemma {:induction false} NeverQueuedAppend(s: State, a: seq<Call>, b: seq<Call>, e: Entry<Pending>)
    requires NeverQueued(s, a, e) && NeverQueued(ApplyAll(s, a), b, e)
    ensures NeverQueued(s, a + b, e)
    decreases |a|
  {
    if a == [] {
      assert a + b == b;
    } else {
      assert (a + b)[0] == a[0] && (a + b)[1..] == a[1..] + b;
      NeverQueuedAppend(Apply(s, a[0]), a[1..], b, e);
    }
  }

  lemma OneCall(s: State, c: Call)
    ensures ApplyAll(s, [c]) == Apply(s, c)
    ensures BlockStarts([c]) == if c.BlockStart? then 1 else 0
  {
  }

  /** Only the end of an era queues an entry, and that entry is the era's own. */
  lemma OtherEraQueued(s: State, c: Call, e: Entry<Pending>)
    requires c.EraEnds? ==> c.era != e.era
    ensures NeverQueued(s, [c], e)
  {
  }

  // ---- Retry stability ----

  /** A queued era still has the points its message was built from: rebuilding it gives
      the message whose first attempt failed. */
  ghost predicate Rebuilds(s: State, e: Entry<Pending>) {
    Rebuild(s, e).Some? && Attempt(Rebuild(s, e).value, false, false) in s.log
  }

  /** Any two attempts for the same era carry the same message. */
  ghost predicate OneMessagePerEra(log: seq<Event>) {
    forall a, b :: a in log && b in log && a.Attempt? && b.Attempt? && a.message.era == b.message.era ==>
      a.message == b.message
  }

  ghost predicate ErasDistinct(q: Queue<Pending>) {
    forall i, j :: 0 <= i < j < |q| ==> q[i].era != q[j].era
  }

  /** All that happened concerns eras before `bound`, whose points are final. */
  ghost predicate Frozen(s: State, bound: nat) {
    && (forall i :: 0 <= i < |s.queue| ==> s.queue[i].era < bound && Rebuilds(s, s.queue[i]))
    && ErasDistinct(s.queue)
    && AttemptsBefore(s.log, bound) && OneMessagePerEra(s.log)
  }

  lemma AuthorKeepsFrozen(s: State, bound: nat, active: nat, who: Account)
    requires Frozen(s, bound)
    ensures Frozen(NoteAuthor(s, active, who), bound)
  {
  }

  lemma AwardKeepsFrozen(s: State, bound: nat, f: Formula, validators: seq<Account>, exempt: seq<Account>)
    requires Frozen(s, bound)
    ensures Frozen(AwardSession(s, f, bound, validators, exempt), bound)
  {
    var r := AwardSession(s, f, bound, validators, exempt);
    assert forall a :: a in r.log && a.Attempt? ==> a in s.log;
    forall i | 0 <= i < |s.queue| ensures Rebuilds(r, s.queue[i]) {
      assert Rebuilds(s, s.queue[i]);
    }
  }

  /** The state after one more attempt for a queued entry. */
  lemma AttemptKeepsFrozen(s: State, bound: nat, i: nat, sent: bool, q: Queue<Pending>)
    requires Frozen(s, bound) && i < |s.queue|
    requires forall k :: 0 <= k < |q| ==> q[k] in s.queue
    requires ErasDistinct(q)
    ensures Rebuild(s, s.queue[i]).Some?
    ensures Frozen(s.(queue := q, log := s.log + [Attempt(Rebuild(s, s.queue[i]).value, true, sent)]), bound)
  {
  }

  /** A block call never finds its entry expired. */
  lemma BlockKeepsFrozen(s: State, bound: nat, sent: bool)
    requires Frozen(s, bound)
    ensures Frozen(ProcessUnsent(s, sent), bound)
    ensures s.queue != [] ==> Rebuild(s, s.queue[0]).Some?
  {
  }

  /** A manual retry never finds the points pruned. */
  lemma RetryKeepsFrozen(s: State, bound: nat, era: nat, sent: bool)
    requires Frozen(s, bound)
    ensures Frozen(RetryUnsent(s, era, sent).0, bound)
    ensures RetryUnsent(s, era, sent).1 != RewardPointsPruned
  {
    var found := IndexOfEra(s.queue, era);
    if found.Some? {
      AttemptKeepsFrozen(s, bound, found.value, sent, Step(s.queue, Retry(era, sent)));
    }
  }

  lemma {:induction false} KeptErasDistinct(q: Queue<Pending>, n: nat, limit: nat)
    requires n <= |q|
    requires ErasDistinct(q)
    ensures ErasDistinct(KeptOf(q, n, limit))
  {
    if n > 0 {
      KeptErasDistinct(q, n - 1, limit);
      KeptMembers(q, n - 1, limit);
      forall e | e in KeptOf(q, n - 1, limit) ensures e.era != q[n - 1].era {
        assert e in q[..n - 1];
      }
    }
  }

  lemma KeptRebuilds(s: State, bound: nat, depth: nat, era: nat, e: Entry<Pending>)
    requires Frozen(s, bound) && era >= depth && e in Kept(s.queue, era - depth)
    ensures e.era < bound && Rebuilds(OnEraStart(s, depth, era), e)
  {
    KeptMembers(s.queue, |s.queue|, era - depth);
    var j :| 0 <= j < |s.queue| && s.queue[j] == e;
    assert Rebuilds(s, s.queue[j]);
    assert Rebuild(OnEraStart(s, depth, era), e) == Rebuild(s, e);
  }

  /** Starting an era takes out the points of one era and every queue entry up to it:
      no entry outlives its points. */
  lemma EraStartKeepsFrozen(s: State, bound: nat, depth: nat, era: nat)
    requires Frozen(s, bound)
    ensures Frozen(OnEraStart(s, depth, era), bound)
  {
    if era >= depth {
      var r := OnEraStart(s, depth, era);
      KeptErasDistinct(s.queue, |s.queue|, era - depth);
      forall k | 0 <= k < |r.queue| ensures r.queue[k].era < bound && Rebuilds(r, r.queue[k]) {
        KeptRebuilds(s, bound, depth, era, r.queue[k]);
      }
      assert forall a :: a in r.log && a.Attempt? ==> a in s.log;
    }
  }

  ghost predicate AttemptsBefore(log: seq<Event>, bound: nat) {
    forall a :: a in log && a.Attempt? ==> a.message.era < bound
  }

  /** The first attempt for an era cannot differ from an earlier one. */
  lemma FirstAttempt(log: seq<Event>, more: seq<Event>, attempt: Event)
    requires attempt.Attempt? && OneMessagePerEra(log) && AttemptsBefore(log, attempt.message.era)
    requires forall a :: a in more && a.Attempt? ==> a == attempt
    ensures OneMessagePerEra(log + more) && AttemptsBefore(log + more, attempt.message.era + 1)
  {
  }

  lemma EndedRebuilds(s: State, era: nat, body: Pending, more: seq<Event>, q: Queue<Pending>)
    requires Frozen(s, era) && Build(PointsOf(s, era), era, body).Some?
    requires Attempt(Build(PointsOf(s, era), era, body).value, false, false) in more
    requires q == s.queue + [Entry(era, body)]
    ensures ErasDistinct(q)
    ensures forall k :: 0 <= k < |q| ==> q[k].era < era + 1 && Rebuilds(s.(queue := q, log := s.log + more), q[k])
  {
    forall k | 0 <= k < |s.queue| ensures Rebuilds(s.(queue := q, log := s.log + more), s.queue[k]) {
      assert Rebuilds(s, s.queue[k]);
    }
  }

  /** Ending era `era` freezes it too. */
  lemma EraEndKeepsFrozen(s: State, era: nat, timestamp: nat, mint: Option<nat>, sent: bool)
    requires Frozen(s, era)
    ensures Frozen(OnEraEnd(s, era, timestamp, mint, sent), era + 1)
  {
    var r := OnEraEnd(s, era, timestamp, mint, sent);
    assert forall i :: 0 <= i < |s.queue| ==> Rebuilds(s, s.queue[i]);
    if r.log != s.log {
      var body := Pending(timestamp, mint.value);
      var attempt := Attempt(Build(PointsOf(s, era), era, body).value, false, sent);
      var more := [Minted(era, mint.value), attempt] +
                  (if sent || |s.queue| < MAX_ENTRIES then [] else [Dropped(era, mint.value)]);
      assert r.log == s.log + more;
      FirstAttempt(s.log, more, attempt);
      if !sent && |s.queue| < MAX_ENTRIES {
        EndedRebuilds(s, era, body, more, r.queue);
      }
    }
  }

  // ---- A session rotation ----

  /** The era hooks: era `a` ends, then the next one starts. */
  function EraChange(s: State, depth: nat, a: nat, timestamp: nat, mint: Option<nat>, sent: bool): (r: State) {
    OnEraStart(OnEraEnd(s, a, timestamp, mint, sent), depth, a + 1)
  }

  ghost predicate Fits(s: State, bound: nat) {
    Frozen(s, bound) && Net(s.log) == Queued(s.queue)
  }

  // ---- What calls answer ----

  /** A manual retry makes one more attempt for the era, if that is queued, and takes it out of
      the queue exactly when the attempt succeeds. */
  lemma RetryOutcome(s: State, bound: nat, era: nat, sent: bool)
    requires Frozen(s, bound)
    ensures
      var (r, result) := RetryUnsent(s, era, sent);
      if exists i :: 0 <= i < |s.queue| && s.queue[i].era == era
      then
        && result == (if sent then Ok else MessageSendFailed)
        && |r.log| == |s.log| + 1 && s.log < r.log && r.log[|s.log|].Attempt?
        && r.log[|s.log|].message.era == era && r.log[|s.log|].retry && r.log[|s.log|].sent == sent
        && (forall e :: e in r.queue <==> e in s.queue && (sent ==> e.era != era))
        && (!sent ==> r.queue == s.queue)
      else result == EraNotInUnsentQueue && r == s
  {
    RetryKeepsFrozen(s, bound, era, sent);
  }

  function BlocksIn(s: State, era: nat): (n: nat) {
    if era in s.blocks then s.blocks[era] else 0
  }

  /** A block counts once for its author and once for the era, and for nobody and nothing else. */
  lemma AuthorCounts(s: State, active: nat, who: Account, x: Account, era: nat)
    requires Ordered(s.authored)
    ensures
      var r := NoteAuthor(s, active, who);
      && Get(r.authored, x) == (if x == who then SatAdd(Get(s.authored, x), 1) else Get(s.authored, x))
      && BlocksIn(r, era) == (if era == active then SatAdd(BlocksIn(s, era), 1) else BlocksIn(s, era))
      && r.points == s.points && r.queue == s.queue && r.log == s.log
  {
    AccrueCredits(s.authored, who, 1, x);
  }

  /** Handing out the points of a session clears its block counts. */
  lemma AwardClears(s: State, f: Formula, active: nat, validators: seq<Account>, exempt: seq<Account>)
    ensures AwardSession(s, f, active, validators, exempt).authored == []
  {
  }

  lemma GenesisFits(bound: nat)
    ensures Fits(GENESIS, bound)
  {
  }

  lemma AwardFits(s: State, f: Formula, a: nat, validators: seq<Account>, exempt: seq<Account>)
    requires Fits(s, a)
    ensures Fits(AwardSession(s, f, a, validators, exempt), a)
  {
    AwardKeepsFrozen(s, a, f, validators, exempt);
    NetAppend(s.log, Awarded(a, SessionAwards(f, s.authored, validators, exempt)));
  }

  lemma BlockFits(s: State, bound: nat, sent: bool)
    requires Fits(s, bound)
    ensures Fits(ProcessUnsent(s, sent), bound)
  {
    BlockKeepsFrozen(s, bound, sent);
    BlockKeepsNet(s, sent);
  }

  lemma RetryFits(s: State, bound: nat, era: nat, sent: bool)
    requires Fits(s, bound)
    ensures Fits(RetryUnsent(s, era, sent).0, bound)
  {
    RetryKeepsFrozen(s, bound, era, sent);
    RetryKeepsNet(s, era, sent);
  }

  lemma EraEndFits(s: State, era: nat, timestamp: nat, mint: Option<nat>, sent: bool)
    requires Fits(s, era)
    ensures Fits(OnEraEnd(s, era, timestamp, mint, sent), era + 1)
  {
    EraEndKeepsFrozen(s, era, timestamp, mint, sent);
    EraEndKeepsNet(s, era, timestamp, mint, sent);
  }

  lemma EraStartFits(s: State, bound: nat, depth: nat, era: nat)
    requires Fits(s, bound)
    ensures Fits(OnEraStart(s, depth, era), bound)
  {
    EraStartKeepsFrozen(s, bound, depth, era);
    EraStartKeepsNet(s, depth, era);
  }

  lemma StartedFits(ended: State, started: State, depth: nat, a: nat)
    requires Fits(ended, a + 1) && started == OnEraStart(ended, depth, a + 1)
    ensures Fits(started, a + 1)
  {
    EraStartFits(ended, a + 1, depth, a + 1);
  }

  /** Between the two hooks nothing is awarded, so the ended era is frozen for good. */
  lemma EraChangeFits(s: State, depth: nat, a: nat, timestamp: nat, mint: Option<nat>, sent: bool)
    requires Fits(s, a)
    ensures Fits(EraChange(s, depth, a, timestamp, mint, sent), a + 1)
  {
    var ended := OnEraEnd(s, a, timestamp, mint, sent);
    EraEndFits(s, a, timestamp, mint, sent);
    StartedFits(ended, EraChange(s, depth, a, timestamp, mint, sent), depth, a);
  }
}
