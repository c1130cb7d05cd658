/**
 The queue of unsent batches that the rewards and the slashes pallet share, as a
 sequence: what one call does to it, and what every run of calls guarantees.
 The in-place form is in RingQueue.dfy.
 */
module RetryQueue {
  import opened Common

  const CAPACITY: nat := 64

  // One slot always stays free, so that head == tail means empty.
  const MAX_ENTRIES: nat := CAPACITY - 1

  datatype Entry<+T> = Entry(era: nat, body: T)

  type Queue<T> = seq<Entry<T>>

  function Pushed<T>(q: Queue<T>, e: Entry<T>): (r: Queue<T>) {
    if |q| < MAX_ENTRIES then q + [e] else q
  }

  function RemovedAt<T>(q: Queue<T>, i: nat): (r: Queue<T>)
    requires i < |q|
  {
    q[..i] + q[i + 1..]
  }

  function Rotated<T>(q: Queue<T>): (r: Queue<T>)
    requires q != []
  {
    q[1..] + [q[0]]
  }

  /** The position of the first entry of an era, as the manual retry searches it. */
  function IndexOfEra<T>(q: Queue<T>, era: nat): (r: Option<nat>)
    ensures r.Some? ==> r.value < |q| && q[r.value].era == era
    ensures r.Some? ==> forall j :: 0 <= j < r.value ==> q[j].era != era
    ensures r.None? ==> forall j :: 0 <= j < |q| ==> q[j].era != era
  {
    if q == [] then None
    else if q[0].era == era then Some(0)
    else match IndexOfEra(q[1..], era)
      case None => None
      case Some(i) => Some(i + 1)
  }

  /** The entries of eras after `limit` among the first `n`, in queue order. */
  function KeptOf<T>(q: Queue<T>, n: nat, limit: nat): (r: Queue<T>)
    requires n <= |q|
    ensures |r| <= n
  {
    if n == 0 then [] else KeptOf(q, n - 1, limit) + (if q[n - 1].era > limit then [q[n - 1]] else [])
  }

  /** The entries of eras up to `limit` among the first `n`, in queue order. */
  function ExpiredOf<T>(q: Queue<T>, n: nat, limit: nat): (r: Queue<T>)
    requires n <= |q|
  {
    if n == 0 then [] else ExpiredOf(q, n - 1, limit) + (if q[n - 1].era <= limit then [q[n - 1]] else [])
  }

  /** What pruning leaves. */
  function Kept<T>(q: Queue<T>, limit: nat): (r: Queue<T>) {
    KeptOf(q, |q|, limit)
  }

  /** What pruning expires. */
  function Expired<T>(q: Queue<T>, limit: nat): (r: Queue<T>) {
    ExpiredOf(q, |q|, limit)
  }

  lemma {:induction false} KeptMembers<T>(q: Queue<T>, n: nat, limit: nat)
    requires n <= |q|
    ensures forall e :: e in KeptOf(q, n, limit) <==> e in q[..n] && e.era > limit
  {
    if n > 0 {
      KeptMembers(q, n - 1, limit);
      assert q[..n] == q[..n - 1] + [q[n - 1]];
    }
  }

  lemma {:induction false} ExpiredMembers<T>(q: Queue<T>, n: nat, limit: nat)
    requires n <= |q|
    ensures forall e :: e in ExpiredOf(q, n, limit) <==> e in q[..n] && e.era <= limit
  {
    if n > 0 {
      ExpiredMembers(q, n - 1, limit);
      assert q[..n] == q[..n - 1] + [q[n - 1]];
    }
  }

  lemma {:induction false} PruneSizes<T>(q: Queue<T>, n: nat, limit: nat)
    requires n <= |q|
    ensures |KeptOf(q, n, limit)| + |ExpiredOf(q, n, limit)| == n
  {
    if n > 0 {
      PruneSizes(q, n - 1, limit);
    }
  }

  /** Pruning neither loses nor duplicates an entry, and sorts each one by its era alone. */
  lemma PrunePartitions<T>(q: Queue<T>, limit: nat)
    ensures |Kept(q, limit)| + |Expired(q, limit)| == |q|
    ensures forall e :: e in Kept(q, limit) <==> e in q && e.era > limit
    ensures forall e :: e in Expired(q, limit) <==> e in q && e.era <= limit
  {
    PruneSizes(q, |q|, limit);
    KeptMembers(q, |q|, limit);
    ExpiredMembers(q, |q|, limit);
    assert q[..|q|] == q;
  }

  /** One call that touches the queue. `leaves` says whether the attempted entry is
      taken out (message sent, or its era expired) or fails and stays. */
  datatype Op<+T> =
    | Block(leaves: bool)
    | Enqueue(entry: Entry<T>)
    | Retry(era: nat, leaves: bool)
    | Prune(limit: nat)
    | Idle

  function Step<T>(q: Queue<T>, op: Op<T>): (r: Queue<T>)
    ensures |q| <= MAX_ENTRIES ==> |r| <= MAX_ENTRIES
  {
    match op
    case Block(leaves) => if q == [] then q else if leaves then q[1..] else Rotated(q)
    case Enqueue(e) => Pushed(q, e)
    case Retry(era, leaves) =>
      var i := IndexOfEra(q, era);
      if i.Some? && leaves then RemovedAt(q, i.value) else q
    case Prune(limit) => Kept(q, limit)
    case Idle => q
  }

  function Run<T>(q: Queue<T>, ops: seq<Op<T>>): (r: Queue<T>)
    decreases |ops|
  {
    if ops == [] then q else Run(Step(q, ops[0]), ops[1..])
  }

  ghost predicate OnlyAt<T>(q: Queue<T>, i: nat, e: Entry<T>) {
    i < |q| && forall j :: 0 <= j < |q| ==> (q[j] == e <==> j == i)
  }

  /** The queue never holds more than 63 entries. */
  lemma {:induction false} RunKeepsBound<T>(q: Queue<T>, ops: seq<Op<T>>)
    requires |q| <= MAX_ENTRIES
    ensures |Run(q, ops)| <= MAX_ENTRIES
    decreases |ops|
  {
    if ops != [] {
      RunKeepsBound(Step(q, ops[0]), ops[1..]);
    }
  }

  lemma {:induction false} KeptMovesForward<T>(q: Queue<T>, n: nat, limit: nat, i: nat, e: Entry<T>) returns (j: nat)
    requires OnlyAt(q, i, e) && e.era > limit && i < n <= |q|
    ensures j <= i && OnlyAt(KeptOf(q, n, limit), j, e)
  {
    if i == n - 1 {
      j := |KeptOf(q, i, limit)|;
      KeptMembers(q, i, limit);
      assert e !in q[..i];
    } else {
      j := KeptMovesForward(q, n - 1, limit, i, e);
    }
  }

  lemma RemovalMovesForward<T>(q: Queue<T>, k: nat, i: nat, e: Entry<T>)
    requires OnlyAt(q, i, e) && k < |q|
    ensures k == i ==> e !in RemovedAt(q, k)
    ensures k != i ==> OnlyAt(RemovedAt(q, k), if k < i then i - 1 else i, e)
  {
  }

  /** A call either takes `e` out, attempts it, or leaves it no further from the head;
      a block call brings it one nearer. */
  lemma StepMovesForward<T>(q: Queue<T>, op: Op<T>, i: nat, e: Entry<T>) returns (j: nat)
    requires OnlyAt(q, i, e) && op != Enqueue(e)
    requires op.Block? ==> i > 0
    ensures e !in Step(q, op) || OnlyAt(Step(q, op), j, e)
    ensures j <= i && (op.Block? ==> j < i)
  {
    match op
    case Block(_) => j := i - 1;
    case Enqueue(_) => j := i;
    case Idle => j := i;
    case Retry(era, leaves) =>
      var found := IndexOfEra(q, era);
      j := if found.Some? && leaves && found.value < i then i - 1 else i;
      if found.Some? {
        RemovalMovesForward(q, found.value, i, e);
      }
    case Prune(limit) =>
      j := i;
      PrunePartitions(q, limit);
      if e.era > limit {
        j := KeptMovesForward(q, |q|, limit, i, e);
      }
  }

  /** An entry that is not in the queue comes in only by being queued. */
  lemma StepKeepsGone<T>(q: Queue<T>, op: Op<T>, e: Entry<T>)
    requires e !in q && op != Enqueue(e)
    ensures e !in Step(q, op)
  {
    if op.Prune? {
      PrunePartitions(q, op.limit);
    }
  }

  function Failures<T>(n: nat): (ops: seq<Op<T>>) {
    seq(n, _ => Block(false))
  }

  /** `k` failing block calls rotate the queue by `k`. */
  lemma {:induction false} FailuresRotate<T>(q: Queue<T>, k: nat)
    requires k <= |q|
    ensures Run(q, Failures(k)) == q[k..] + q[..k]
    decreases k
  {
    if k == 0 {
      assert q[0..] + q[..0] == q;
    } else {
      var r := Rotated(q);
      FailuresRotate(r, k - 1);
      assert Failures<T>(k)[1..] == Failures<T>(k - 1);
      assert r[k - 1..] + r[..k - 1] == q[k..] + q[..k];
    }
  }

  /** A full round of failures alone returns the queue to its original order. */
  lemma FullRoundRestoresOrder<T>(q: Queue<T>)
    ensures Run(q, Failures(|q|)) == q
  {
    FailuresRotate(q, |q|);
    assert q[|q|..] + q[..|q|] == q;
  }
}
